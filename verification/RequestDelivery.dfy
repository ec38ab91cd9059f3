// That replies reach their requests: which one a request returns, and what
// becomes of every node that arrives.
module RequestDelivery {
  import opened Common
  import opened Requests

  // ---------------------------------------------------------------------
  // The first reply

  predicate Answers(n: Stanza, id: string) {
    IsReply(n) && n.id == id
  }

  // The first reply with the id among the arrivals from `since` on.
  function FirstReply(arrivals: seq<Stanza>, since: nat, id: string): Option<nat>
    decreases |arrivals| - since
  {
    if since >= |arrivals| then None
    else if Answers(arrivals[since], id) then Some(since)
    else FirstReply(arrivals, since + 1, id)
  }

  lemma {:induction false} FirstReplyMeans(arrivals: seq<Stanza>, since: nat, id: string)
    ensures match FirstReply(arrivals, since, id)
            case None => forall k :: since <= k < |arrivals| ==> !Answers(arrivals[k], id)
            case Some(n) =>
              since <= n < |arrivals| && Answers(arrivals[n], id) && forall k :: since <= k < n ==> !Answers(arrivals[k], id)
    decreases |arrivals| - since
  {
    if since < |arrivals| && !Answers(arrivals[since], id) {
      FirstReplyMeans(arrivals, since + 1, id);
    }
  }

  lemma {:induction false} FirstReplyGrows(arrivals: seq<Stanza>, x: Stanza, since: nat, id: string)
    requires since <= |arrivals|
    ensures FirstReply(arrivals + [x], since, id) ==
            if FirstReply(arrivals, since, id).Some? then FirstReply(arrivals, since, id)
            else if Answers(x, id) then Some(|arrivals|) else None
    decreases |arrivals| - since
  {
    if since < |arrivals| && !Answers(arrivals[since], id) {
      FirstReplyGrows(arrivals, x, since + 1, id);
    }
  }

  // ---------------------------------------------------------------------
  // The invariant

  predicate Handing(d: Dispatcher, t: nat) {
    d.Found? && d.owner == t
  }

  // Where the first reply to a call is.
  ghost predicate Served(h: Hub, t: nat, call: Call) {
    match call
    case Idle => t !in h.boxes && !Handing(h.dispatcher, t)
    case Registering(_) => t !in h.boxes && !Handing(h.dispatcher, t)
    case Sending(id, since) => AtHand(h, t, id, since)
    case Waiting(id, since) => AtHand(h, t, id, since)
    case Leaving(id, since, outcome) => Chosen(h, id, since, outcome)
    case Returned(id, since, outcome) => Chosen(h, id, since, outcome)
  }

  ghost predicate AtHand(h: Hub, t: nat, id: string, since: nat) {
    && since <= |h.arrivals|
    && match FirstReply(h.arrivals, since, id)
       case None => t !in h.boxes && !Handing(h.dispatcher, t)
       case Some(n) => n < |h.arrivals| && InBoxOrHand(h, t, Letter(h.arrivals[n], n))
  }

  ghost predicate InBoxOrHand(h: Hub, t: nat, letter: Letter) {
    (t in h.boxes && h.boxes[t] == letter) || (t !in h.boxes && h.dispatcher == Found(t, letter))
  }

  ghost predicate Chosen(h: Hub, id: string, since: nat, outcome: Outcome) {
    && since <= |h.arrivals|
    && (outcome.Response? ==>
          && FirstReply(h.arrivals, since, id) == Some(outcome.arrival)
          && outcome.arrival < |h.arrivals| && outcome.node == h.arrivals[outcome.arrival])
  }

  ghost predicate AllServed(h: Hub) {
    && (forall t :: t in h.calls ==> Served(h, t, h.calls[t]))
    && (forall t :: t in h.boxes ==> t in h.calls)
    && (h.dispatcher.Found? ==> h.dispatcher.owner in h.calls)
  }

  // ---------------------------------------------------------------------
  // Every step keeps it

  // A step of one call; boxes and dispatcher change for that call at most.
  lemma OneCallServed(h: Hub, g: Hub, t: nat)
    requires AllServed(h) && g.arrivals == h.arrivals && g.dispatcher == h.dispatcher
    requires t in g.calls && g.calls == h.calls[t := g.calls[t]] && Served(g, t, g.calls[t])
    requires forall u :: u != t ==> (u in g.boxes <==> u in h.boxes) && (u in h.boxes ==> g.boxes[u] == h.boxes[u])
    requires t in g.boxes ==> t in h.boxes
    ensures AllServed(g)
  {
    hide FirstReply;
    forall u | u in g.calls
      ensures Served(g, u, g.calls[u])
    {
      if u != t {
        assert Served(h, u, h.calls[u]);
      }
    }
  }

  // A call that changes place and leaves its channel alone.
  lemma PlaceServed(h: Hub, t: nat, call: Call)
    requires AllServed(h) && Served(h, t, call)
    ensures AllServed(Goto(h, t, call))
  {
    hide FirstReply;
    var g := Goto(h, t, call);
    assert Served(g, t, call) by {
      hide AllServed;
    }
    hide Served;
    OneCallServed(h, g, t);
  }

  lemma BeginServed(h: Hub, t: nat, id: string)
    requires AllServed(h) && Enabled(h, Begin(t, id))
    ensures AllServed(Next(h, Begin(t, id)))
  {
    hide FirstReply;
    assert t in h.calls ==> Served(h, t, h.calls[t]);
    PlaceServed(h, t, Registering(id));
  }

  lemma CallServed(h: Hub, step: Step)
    requires AllServed(h) && Enabled(h, step) && (step.Send? || step.GiveUp?)
    ensures AllServed(Next(h, step))
  {
    hide FirstReply;
    assert Served(h, step.t, h.calls[step.t]);
    PlaceServed(h, step.t, Next(h, step).calls[step.t]);
  }

  lemma LeaveServed(h: Hub, t: nat)
    requires AllServed(h) && Enabled(h, Leave(t))
    ensures AllServed(Next(h, Leave(t)))
  {
    hide FirstReply;
    assert Served(h, t, h.calls[t]);
    OneCallServed(h, Next(h, Leave(t)), t);
  }

  lemma ReceiveServed(h: Hub, t: nat)
    requires AllServed(h) && Enabled(h, Receive(t))
    ensures AllServed(Next(h, Receive(t)))
  {
    hide FirstReply;
    assert Served(h, t, h.calls[t]);
    OneCallServed(h, Next(h, Receive(t)), t);
  }

  lemma RegisterServed(h: Hub, t: nat)
    requires AllServed(h) && Enabled(h, Register(t))
    ensures AllServed(Next(h, Register(t)))
  {
    assert Served(h, t, h.calls[t]);
    OneCallServed(h, Next(h, Register(t)), t);
  }

  lemma DeliverServed(h: Hub)
    requires AllServed(h) && Enabled(h, Deliver)
    ensures AllServed(Next(h, Deliver))
  {
    hide FirstReply;
    var g := Next(h, Deliver);
    forall u | u in g.calls
      ensures Served(g, u, g.calls[u])
    {
      assert Served(h, u, h.calls[u]);
    }
  }

  // A node that arrives is for the call in flight with its id, if any.
  lemma ArriveAtHand(h: Hub, node: Stanza, u: nat)
    requires Inv(h) && AllServed(h) && Enabled(h, Arrive(node)) && u in h.calls
    ensures Served(Next(h, Arrive(node)), u, h.calls[u])
  {
    var call := h.calls[u];
    assert Served(h, u, call);
    if !call.Idle? && !call.Registering? {
      FirstReplyGrows(h.arrivals, node, call.since, call.id);
      hide FirstReply;
      if InFlight(call) {
        assert node.id in h.pending && h.pending[node.id] == u <==> node.id == call.id;
      }
    }
  }

  lemma ArriveServed(h: Hub, node: Stanza)
    requires Inv(h) && AllServed(h) && Enabled(h, Arrive(node))
    ensures AllServed(Next(h, Arrive(node)))
  {
    hide Served;
    var g := Next(h, Arrive(node));
    forall u | u in g.calls
      ensures Served(g, u, g.calls[u])
    {
      ArriveAtHand(h, node, u);
    }
    assert forall id :: id in h.pending ==> h.pending[id] in h.calls;
  }

  lemma StepServed(h: Hub, step: Step)
    requires Inv(h) && AllServed(h) && Enabled(h, step)
    ensures AllServed(Next(h, step))
  {
    hide Inv, AllServed;
    match step
    case Begin(t, id) => BeginServed(h, t, id);
    case Register(t) => RegisterServed(h, t);
    case Receive(t) => ReceiveServed(h, t);
    case Leave(t) => LeaveServed(h, t);
    case Arrive(node) => ArriveServed(h, node);
    case Deliver => DeliverServed(h);
    case _ => CallServed(h, step);
  }

  lemma {:induction false} RunServed(h: Hub, steps: seq<Step>)
    requires Inv(h) && AllServed(h) && IsRun(h, steps)
    ensures Inv(After(h, steps)) && AllServed(After(h, steps))
    decreases |steps|
  {
    hide Inv, AllServed, Next, Enabled;
    if steps != [] {
      StepKeeps(h, steps[0]);
      StepServed(h, steps[0]);
      RunServed(Next(h, steps[0]), steps[1..]);
    }
  }

  lemma Reachable(steps: seq<Step>)
    requires IsRun(Start(), steps)
    ensures Inv(After(Start(), steps)) && AllServed(After(Start(), steps))
  {
    assert Inv(Start()) && AllServed(Start());
    RunServed(Start(), steps);
  }

  // ---------------------------------------------------------------------
  // Which reply a request returns

  // In every interleaving, a request that returns a node returns the first reply
  // with its id that arrived after it registered.
  lemma ReturnsTheFirstReply(steps: seq<Step>, t: nat)
    requires IsRun(Start(), steps)
    ensures var h := After(Start(), steps);
            var call := At(h, t);
            call.Returned? && call.outcome.Response? ==>
              && FirstReply(h.arrivals, call.since, call.id) == Some(call.outcome.arrival)
              && call.outcome.arrival < |h.arrivals| && call.outcome.node == h.arrivals[call.outcome.arrival]
  {
    Reachable(steps);
    var h := After(Start(), steps);
    assert t in h.calls ==> Served(h, t, h.calls[t]);
  }

  // In every reachable state, a waiting request can receive at once if and only
  // if a reply with its id has arrived since it registered and is no longer in
  // the dispatcher's hands; and what it receives is the first one.
  lemma ReceivesExactlyWhenReplied(steps: seq<Step>, t: nat)
    requires IsRun(Start(), steps) && At(After(Start(), steps), t).Waiting?
    ensures var h := After(Start(), steps);
            var call := At(h, t);
            var first := FirstReply(h.arrivals, call.since, call.id);
            && (Enabled(h, Receive(t)) <==> first.Some? && !(h.dispatcher.Found? && h.dispatcher.letter.arrival == first.value))
            && (first.Some? ==> first.value < |h.arrivals|)
            && (Enabled(h, Receive(t)) ==> h.boxes[t] == Letter(h.arrivals[first.value], first.value))
  {
    Reachable(steps);
    var h := After(Start(), steps);
    var call := h.calls[t];
    assert Served(h, t, call);
    FirstReplyMeans(h.arrivals, call.since, call.id);
    hide FirstReply, IsRun, After;
    var w := Accounting(steps);
    if t in h.boxes && h.dispatcher.Found? {
      assert Sits(h, h.boxes[t].arrival, Box(t)) && Sits(h, h.dispatcher.letter.arrival, Hand);
    }
  }

  // A reply to a call in flight that arrives while the call's channel is empty is
  // put into that channel; a further one changes no channel.
  lemma ReplyIsHandedOver(steps: seq<Step>, node: Stanza, t: nat)
    requires IsRun(Start(), steps) && After(Start(), steps).dispatcher.Listening?
    requires node.tag == "iq" && node.id != "" && (node.kind == "result" || node.kind == "error")
    requires InFlight(At(After(Start(), steps), t)) && At(After(Start(), steps), t).id == node.id
    ensures var h := After(Start(), steps);
            && IsRun(h, [Arrive(node), Deliver])
            && After(h, [Arrive(node), Deliver]).boxes ==
               if t in h.boxes then h.boxes else h.boxes[t := Letter(node, |h.arrivals|)]
  {
    Reachable(steps);
    var h := After(Start(), steps);
    hide IsRun, After, AllServed;
    assert node.id in h.pending && h.pending[node.id] == t;
    var g := Next(h, Arrive(node));
    assert g.dispatcher == Found(t, Letter(node, |h.arrivals|));
    RunOfTwo(h, Arrive(node), Deliver);
  }

  lemma RunOfTwo(h: Hub, first: Step, second: Step)
    requires Enabled(h, first) && Enabled(Next(h, first), second)
    ensures IsRun(h, [first, second]) && After(h, [first, second]) == Next(Next(h, first), second)
  {
    var g := Next(h, first);
    assert [first, second][1..] == [second] && [second][1..] == [];
    assert IsRun(Next(g, second), []) && After(Next(g, second), []) == Next(g, second);
    assert IsRun(g, [second]) && After(g, [second]) == Next(g, second);
  }

  // Once a reply has arrived, a waiting request can always go on to return it.
  lemma WaitingCanReturn(steps: seq<Step>, t: nat) returns (more: seq<Step>)
    requires IsRun(Start(), steps) && At(After(Start(), steps), t).Waiting?
    requires var h := After(Start(), steps); FirstReply(h.arrivals, At(h, t).since, At(h, t).id).Some?
    ensures IsRun(After(Start(), steps), more)
    ensures var h, g := After(Start(), steps), After(After(Start(), steps), more);
            var call := At(h, t);
            var n := FirstReply(h.arrivals, call.since, call.id).value;
            && n < |h.arrivals| && t in g.calls
            && g.calls[t] == Returned(call.id, call.since, Response(h.arrivals[n], n))
  {
    Reachable(steps);
    var h := After(Start(), steps);
    assert Served(h, t, h.calls[t]);
    hide IsRun, After, FirstReply;
    if t in h.boxes {
      more := [Receive(t), Leave(t)];
      ReceiveAndLeave(h, t);
    } else {
      more := [Deliver] + [Receive(t), Leave(t)];
      var g := Next(h, Deliver);
      ReceiveAndLeave(g, t);
      assert more[1..] == [Receive(t), Leave(t)];
      RunFirst(h, more);
    }
  }

  lemma RunFirst(h: Hub, steps: seq<Step>)
    requires steps != [] && Enabled(h, steps[0]) && IsRun(Next(h, steps[0]), steps[1..])
    ensures IsRun(h, steps) && After(h, steps) == After(Next(h, steps[0]), steps[1..])
  {
  }

  lemma ReceiveAndLeave(h: Hub, t: nat)
    requires At(h, t).Waiting? && t in h.boxes
    ensures IsRun(h, [Receive(t), Leave(t)])
    ensures var call := At(h, t);
            var g := After(h, [Receive(t), Leave(t)]);
            t in g.calls && g.calls[t] == Returned(call.id, call.since, Response(h.boxes[t].node, h.boxes[t].arrival))
  {
    RunOfTwo(h, Receive(t), Leave(t));
  }

  // ---------------------------------------------------------------------
  // What becomes of every arrival

  datatype Place = PassedOn | Hand | Box(t: nat) | Answer(t: nat) | Discarded

  // Arrival n is at the place.
  ghost predicate Sits(h: Hub, n: nat, place: Place) {
    match place
    case PassedOn => n in h.passedOn
    case Hand => h.dispatcher.Found? && h.dispatcher.letter.arrival == n
    case Box(t) => t in h.boxes && h.boxes[t].arrival == n
    case Answer(t) =>
      t in h.calls && (h.calls[t].Leaving? || h.calls[t].Returned?) && h.calls[t].outcome.Response? && h.calls[t].outcome.arrival == n
    case Discarded => n in h.discarded
  }

  // Each arrival is at exactly one place, and nothing else is anywhere.
  ghost predicate Accounts(h: Hub, w: seq<Place>) {
    && |w| == |h.arrivals|
    && (forall n: nat, place :: Sits(h, n, place) ==> n < |w| && w[n] == place)
    && (forall n :: 0 <= n < |w| ==> Sits(h, n, w[n]))
  }

  lemma ReceiveAccounts(h: Hub, t: nat, w: seq<Place>) returns (w': seq<Place>)
    requires Accounts(h, w) && Enabled(h, Receive(t))
    ensures Accounts(Next(h, Receive(t)), w')
  {
    var n := h.boxes[t].arrival;
    assert Sits(h, n, Box(t));
    w' := w[n := Answer(t)];
    Moved(h, Next(h, Receive(t)), w, n, Answer(t));
  }

  // Arrival n left its place for another; what else is there was there before.
  lemma Moved(h: Hub, g: Hub, w: seq<Place>, n: nat, place: Place)
    requires Accounts(h, w) && n < |w| && g.arrivals == h.arrivals
    requires Sits(g, n, place)
    requires forall k: nat, p :: Sits(g, k, p) ==> (k == n && p == place) || (Sits(h, k, p) && p != w[n])
    requires forall k: nat, p :: Sits(h, k, p) && k != n ==> Sits(g, k, p)
    ensures Accounts(g, w[n := place])
  {
    hide Sits;
  }

  lemma DeliverAccounts(h: Hub, w: seq<Place>) returns (w': seq<Place>)
    requires Accounts(h, w) && Enabled(h, Deliver)
    ensures Accounts(Next(h, Deliver), w')
  {
    var n := h.dispatcher.letter.arrival;
    assert Sits(h, n, Hand);
    var place := if h.dispatcher.owner in h.boxes then Discarded else Box(h.dispatcher.owner);
    w' := w[n := place];
    Moved(h, Next(h, Deliver), w, n, place);
  }

  lemma ArriveAccounts(h: Hub, node: Stanza, w: seq<Place>) returns (w': seq<Place>)
    requires Accounts(h, w) && Enabled(h, Arrive(node))
    ensures Accounts(Next(h, Arrive(node)), w')
  {
    var g := Next(h, Arrive(node));
    var n := |w|;
    w' := w + [if IsReply(node) && node.id in h.pending then Hand else PassedOn];
    assert forall k: nat, p :: Sits(g, k, p) ==> (k == n && p == w'[n]) || Sits(h, k, p);
    assert forall k: nat, p :: Sits(h, k, p) ==> Sits(g, k, p);
    assert Sits(g, n, w'[n]);
    hide Sits;
  }

  // Steps that move no letter.
  lemma QuietAccounts(h: Hub, step: Step, w: seq<Place>)
    requires Accounts(h, w) && Enabled(h, step) && !step.Receive? && !step.Deliver? && !step.Arrive?
    ensures Accounts(Next(h, step), w)
  {
    var g := Next(h, step);
    assert forall n: nat, place :: Sits(g, n, place) <==> Sits(h, n, place);
    hide Sits;
  }

  lemma StepAccounts(h: Hub, step: Step, w: seq<Place>) returns (w': seq<Place>)
    requires Accounts(h, w) && Enabled(h, step)
    ensures Accounts(Next(h, step), w')
  {
    hide Accounts;
    match step
    case Receive(t) => w' := ReceiveAccounts(h, t, w);
    case Deliver => w' := DeliverAccounts(h, w);
    case Arrive(node) => w' := ArriveAccounts(h, node, w);
    case _ =>
      w' := w;
      QuietAccounts(h, step, w);
  }

  lemma {:induction false} RunAccounts(h: Hub, steps: seq<Step>, w: seq<Place>) returns (w': seq<Place>)
    requires Accounts(h, w) && IsRun(h, steps)
    ensures Accounts(After(h, steps), w')
    decreases |steps|
  {
    hide Accounts, Next, Enabled;
    w' := w;
    if steps != [] {
      w' := StepAccounts(h, steps[0], w);
      w' := RunAccounts(Next(h, steps[0]), steps[1..], w');
    }
  }

  lemma Accounting(steps: seq<Step>) returns (w: seq<Place>)
    requires IsRun(Start(), steps)
    ensures Accounts(After(Start(), steps), w)
  {
    assert Accounts(Start(), []);
    w := RunAccounts(Start(), steps, []);
  }

  // In every interleaving each node that has arrived was passed on as an event, is
  // in the dispatcher's hands, is in the channel of a request, was returned by a
  // request or was discarded: exactly one of these, and nothing else is anywhere.
  lemma EveryArrivalAccounted(steps: seq<Step>, n: nat) returns (place: Place)
    requires IsRun(Start(), steps) && n < |After(Start(), steps).arrivals|
    ensures Sits(After(Start(), steps), n, place)
    ensures forall other :: Sits(After(Start(), steps), n, other) ==> other == place
  {
    var w := Accounting(steps);
    place := w[n];
  }

  // ---------------------------------------------------------------------
  // Passed on and discarded

  // A call in flight has this id.
  ghost predicate Wanted(h: Hub, id: string) {
    exists t :: t in h.calls && InFlight(h.calls[t]) && h.calls[t].id == id
  }

  // The arrivals of a run that are not replies to a request in flight.
  ghost function Unwanted(h: Hub, steps: seq<Step>): seq<nat>
    requires IsRun(h, steps)
    decreases |steps|
  {
    if steps == [] then []
    else
      (if steps[0].Arrive? && !(IsReply(steps[0].node) && Wanted(h, steps[0].node.id)) then [|h.arrivals|] else [])
      + Unwanted(Next(h, steps[0]), steps[1..])
  }

  lemma StepPassesOn(h: Hub, step: Step)
    requires Inv(h) && Enabled(h, step)
    ensures Next(h, step).passedOn ==
            h.passedOn + if step.Arrive? && !(IsReply(step.node) && Wanted(h, step.node.id)) then [|h.arrivals|] else []
  {
    if step.Arrive? {
      assert step.node.id in h.pending <==> Wanted(h, step.node.id);
    }
    assert h.passedOn + [] == h.passedOn;
  }

  lemma {:induction false} RunPassesOn(h: Hub, steps: seq<Step>)
    requires Inv(h) && IsRun(h, steps)
    ensures After(h, steps).passedOn == h.passedOn + Unwanted(h, steps)
    decreases |steps|
  {
    hide Inv, Next, Enabled, Wanted;
    if steps == [] {
      assert h.passedOn + [] == h.passedOn;
    } else {
      StepKeeps(h, steps[0]);
      StepPassesOn(h, steps[0]);
      RunPassesOn(Next(h, steps[0]), steps[1..]);
    }
  }

  // The nodes passed on as events are exactly those that are not replies to a
  // request in flight, in the order they arrived.
  lemma PassedOnExactly(steps: seq<Step>)
    requires IsRun(Start(), steps)
    ensures After(Start(), steps).passedOn == Unwanted(Start(), steps)
  {
    assert Inv(Start());
    RunPassesOn(Start(), steps);
    assert [] + Unwanted(Start(), steps) == Unwanted(Start(), steps);
  }

  // What is discarded came after another reply with the same id.
  ghost predicate Superseded(arrivals: seq<Stanza>, n: nat) {
    && n < |arrivals| && IsReply(arrivals[n])
    && exists m :: 0 <= m < n && Answers(arrivals[m], arrivals[n].id)
  }

  ghost predicate Letters(h: Hub) {
    && (forall t :: t in h.boxes ==> h.boxes[t].arrival < |h.arrivals| && h.boxes[t].node == h.arrivals[h.boxes[t].arrival])
    && (h.dispatcher.Found? ==> h.arrivals != [] && h.dispatcher.letter == Letter(h.arrivals[|h.arrivals| - 1], |h.arrivals| - 1))
    && (forall n :: n in h.discarded ==> Superseded(h.arrivals, n))
  }

  lemma DeliverLetters(h: Hub, w: seq<Place>)
    requires Inv(h) && Letters(h) && Accounts(h, w) && Enabled(h, Deliver)
    ensures Letters(Next(h, Deliver))
  {
    var f := h.dispatcher;
    if f.owner in h.boxes {
      var first := h.boxes[f.owner];
      assert Sits(h, first.arrival, Box(f.owner)) && Sits(h, f.letter.arrival, Hand);
      hide Accounts;
      assert Meant(h.calls, f.owner, first.node, first.arrival) && Meant(h.calls, f.owner, f.letter.node, f.letter.arrival);
      assert Answers(h.arrivals[first.arrival], f.letter.node.id);
      assert Superseded(h.arrivals, f.letter.arrival);
    }
  }

  lemma ArriveLetters(h: Hub, node: Stanza)
    requires Letters(h) && Enabled(h, Arrive(node))
    ensures Letters(Next(h, Arrive(node)))
  {
    var g := Next(h, Arrive(node));
    forall n | n in g.discarded
      ensures Superseded(g.arrivals, n)
    {
      assert Superseded(h.arrivals, n);
      var m :| 0 <= m < n && Answers(h.arrivals[m], h.arrivals[n].id);
      assert Answers(g.arrivals[m], g.arrivals[n].id);
    }
  }

  lemma StepLetters(h: Hub, step: Step, w: seq<Place>)
    requires Inv(h) && Letters(h) && Accounts(h, w) && Enabled(h, step)
    ensures Letters(Next(h, step))
  {
    if step.Deliver? {
      DeliverLetters(h, w);
    } else if step.Arrive? {
      ArriveLetters(h, step.node);
    } else {
      hide Inv, Accounts, Superseded;
    }
  }

  lemma {:induction false} RunLetters(h: Hub, steps: seq<Step>, w: seq<Place>)
    requires Inv(h) && Letters(h) && Accounts(h, w) && IsRun(h, steps)
    ensures Letters(After(h, steps))
    decreases |steps|
  {
    hide Inv, Letters, Accounts, Next, Enabled;
    if steps != [] {
      StepKeeps(h, steps[0]);
      StepLetters(h, steps[0], w);
      var w' := StepAccounts(h, steps[0], w);
      RunLetters(Next(h, steps[0]), steps[1..], w');
    }
  }

  // A node is discarded only if an earlier reply with the same id had arrived: no
  // request loses the first reply to it.
  lemma DiscardedIsSuperseded(steps: seq<Step>, n: nat)
    requires IsRun(Start(), steps) && n in After(Start(), steps).discarded
    ensures Superseded(After(Start(), steps).arrivals, n)
  {
    assert Inv(Start()) && Letters(Start()) && Accounts(Start(), []);
    RunLetters(Start(), steps, []);
  }

  // ---------------------------------------------------------------------
  // Why a request ends

  // A request registers, and goes on to send, if and only if no request in flight
  // has its id; otherwise it returns at once.
  lemma RegistersUnlessInFlight(steps: seq<Step>, t: nat)
    requires IsRun(Start(), steps) && Enabled(After(Start(), steps), Register(t))
    ensures var h := After(Start(), steps);
            var call := At(Next(h, Register(t)), t);
            && (Wanted(h, At(h, t).id) <==> call.Returned?)
            && (call.Returned? ==> call.outcome == Failed(Duplicate))
            && (!call.Returned? ==> call == Sending(At(h, t).id, |h.arrivals|))
  {
    Reachable(steps);
    var h := After(Start(), steps);
    hide IsRun, After, AllServed;
    assert h.calls[t].id in h.pending <==> Wanted(h, h.calls[t].id);
  }

  ghost predicate GaveUp(past: seq<Step>, t: nat) {
    exists why :: GiveUp(t, why) in past
  }

  // The steps of the past say how far call t has come.
  ghost predicate Told(call: Call, past: seq<Step>, t: nat) {
    var sent, failed, received := Send(t, true) in past, Send(t, false) in past, Receive(t) in past;
    match call
    case Idle => !sent && !failed && !received && !GaveUp(past, t)
    case Registering(_) => !sent && !failed && !received && !GaveUp(past, t)
    case Sending(_, _) => !sent && !failed && !received && !GaveUp(past, t)
    case Waiting(_, _) => sent && !failed && !received && !GaveUp(past, t)
    case Leaving(_, _, outcome) => Caused(outcome, past, t)
    case Returned(_, _, outcome) => Caused(outcome, past, t)
  }

  // The outcome is the one the steps of the past call for.
  ghost predicate Caused(outcome: Outcome, past: seq<Step>, t: nat) {
    && (outcome.Response? <==> Receive(t) in past)
    && (outcome == Failed(SendFailed) <==> Send(t, false) in past)
    && (outcome == Failed(Duplicate) <==> Send(t, true) !in past && Send(t, false) !in past)
    && (forall why :: GiveUp(t, why) in past <==> outcome == Failed(why) && why != SendFailed && why != Duplicate)
  }

  // A step that is none of the call's deciding ones.
  lemma QuietTold(call: Call, past: seq<Step>, step: Step, t: nat)
    requires Told(call, past, t)
    requires step.Arrive? || step.Deliver? || step.Leave? || step.Begin? || step.Register? || step.t != t
    ensures Told(call, past + [step], t)
  {
    assert forall s :: s in past + [step] <==> s in past || s == step;
    assert forall why :: GiveUp(t, why) in past + [step] <==> GiveUp(t, why) in past;
  }

  lemma DecidingTold(h: Hub, past: seq<Step>, step: Step, t: nat)
    requires Told(At(h, t), past, t) && Enabled(h, step)
    requires step == Receive(t) || (step.Send? && step.t == t) || (step.GiveUp? && step.t == t)
    ensures Told(At(Next(h, step), t), past + [step], t)
  {
    assert forall s :: s in past + [step] <==> s in past || s == step;
    assert !GaveUp(past, t);
    assert forall why :: GiveUp(t, why) !in past;
  }

  lemma StepTold(h: Hub, past: seq<Step>, step: Step, t: nat)
    requires Told(At(h, t), past, t) && Enabled(h, step)
    ensures Told(At(Next(h, step), t), past + [step], t)
  {
    if step == Receive(t) || (step.Send? && step.t == t) || (step.GiveUp? && step.t == t) {
      DecidingTold(h, past, step, t);
    } else {
      QuietTold(At(h, t), past, step, t);
    }
  }

  lemma {:induction false} RunTold(h: Hub, past: seq<Step>, steps: seq<Step>, t: nat)
    requires Told(At(h, t), past, t) && IsRun(h, steps)
    ensures Told(At(After(h, steps), t), past + steps, t)
    decreases |steps|
  {
    hide Told, Next, Enabled;
    if steps == [] {
      assert past + steps == past;
    } else {
      StepTold(h, past, steps[0], t);
      RunTold(Next(h, steps[0]), past + [steps[0]], steps[1..], t);
      assert past + [steps[0]] + steps[1..] == past + steps;
    }
  }

  // A request returns a node if and only if it received one, the failure to send
  // if and only if sending failed, a duplicate if and only if it never sent, and
  // any other failure if and only if it gave up for that reason.
  lemma OutcomeIsWhatHappened(steps: seq<Step>, t: nat)
    requires IsRun(Start(), steps) && At(After(Start(), steps), t).Returned?
    ensures Caused(At(After(Start(), steps), t).outcome, steps, t)
  {
    assert Told(At(Start(), t), [], t);
    RunTold(Start(), [], steps, t);
    assert [] + steps == steps;
  }
}
