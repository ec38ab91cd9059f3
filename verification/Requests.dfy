// Request and response correlation in a session: any number of Request calls,
// one dispatcher, and a pending map guarded by the session lock.
module Requests {
  import opened Common

  // A node as the dispatcher looks at it: its tag and the text of its "id" and
  // "type" attributes, empty when missing.
  datatype Stanza = Stanza(tag: string, id: string, kind: string, body: nat)

  predicate IsReply(n: Stanza) {
    n.tag == "iq" && n.id != "" && (n.kind == "result" || n.kind == "error")
  }

  datatype Failure = Duplicate | SendFailed | Timeout | Canceled | ErrStopped | NotOnline

  datatype Outcome = Response(node: Stanza, arrival: nat) | Failed(why: Failure)

  // Where one Request call stands. A call owns one channel with room for one
  // node; `since` is how many nodes had arrived when it registered.
  datatype Call =
    | Idle
    | Registering(id: string)
    | Sending(id: string, since: nat)
    | Waiting(id: string, since: nat)
    | Leaving(id: string, since: nat, outcome: Outcome)
    | Returned(id: string, since: nat, outcome: Outcome)

  predicate InFlight(call: Call) {
    call.Sending? || call.Waiting? || call.Leaving?
  }

  datatype Letter = Letter(node: Stanza, arrival: nat)

  // The dispatcher looks a channel up under the lock and writes to it outside.
  datatype Dispatcher = Listening | Found(owner: nat, letter: Letter)

  // Besides the state, everything that has arrived, which arrivals were passed on
  // to the handlers of events, by tag, and which were discarded.
  datatype Hub = Hub(
    calls: map<nat, Call>,
    pending: map<string, nat>,
    boxes: map<nat, Letter>,
    dispatcher: Dispatcher,
    arrivals: seq<Stanza>,
    passedOn: seq<nat>,
    discarded: seq<nat>)

  datatype Step =
    | Begin(t: nat, id: string)
    | Register(t: nat)
    | Send(t: nat, ok: bool)
    | Receive(t: nat)
    | GiveUp(t: nat, why: Failure)
    | Leave(t: nat)
    | Arrive(node: Stanza)
    | Deliver

  function At(h: Hub, t: nat): Call {
    if t in h.calls then h.calls[t] else Idle
  }

  predicate Enabled(h: Hub, step: Step) {
    match step
    case Begin(t, id) => At(h, t).Idle? && id != ""
    case Register(t) => At(h, t).Registering?
    case Send(t, _) => At(h, t).Sending?
    case Receive(t) => At(h, t).Waiting? && t in h.boxes
    case GiveUp(t, why) => At(h, t).Waiting? && !why.Duplicate? && !why.SendFailed?
    case Leave(t) => At(h, t).Leaving?
    case Arrive(_) => h.dispatcher.Listening?
    case Deliver => h.dispatcher.Found?
  }

  function Goto(h: Hub, t: nat, call: Call): Hub {
    h.(calls := h.calls[t := call])
  }

  function Next(h: Hub, step: Step): Hub
    requires Enabled(h, step)
  {
    match step
    case Begin(t, id) => Goto(h, t, Registering(id))
    case Register(t) =>
      var id := At(h, t).id;
      if id in h.pending then Goto(h, t, Returned(id, |h.arrivals|, Failed(Duplicate)))
      else Goto(h, t, Sending(id, |h.arrivals|)).(pending := h.pending[id := t])
    case Send(t, ok) =>
      var call := At(h, t);
      Goto(h, t, if ok then Waiting(call.id, call.since) else Leaving(call.id, call.since, Failed(SendFailed)))
    case Receive(t) =>
      var call := At(h, t);
      var letter := h.boxes[t];
      Goto(h, t, Leaving(call.id, call.since, Response(letter.node, letter.arrival))).(boxes := h.boxes - {t})
    case GiveUp(t, why) =>
      var call := At(h, t);
      Goto(h, t, Leaving(call.id, call.since, Failed(why)))
    case Leave(t) =>
      var call := At(h, t);
      Goto(h, t, Returned(call.id, call.since, call.outcome)).(pending := h.pending - {call.id})
    case Arrive(node) =>
      var n := |h.arrivals|;
      var g := h.(arrivals := h.arrivals + [node]);
      if IsReply(node) && node.id in h.pending then g.(dispatcher := Found(h.pending[node.id], Letter(node, n)))
      else g.(passedOn := h.passedOn + [n])
    case Deliver =>
      var f := h.dispatcher;
      var g := h.(dispatcher := Listening);
      if f.owner in h.boxes then g.(discarded := h.discarded + [f.letter.arrival])
      else g.(boxes := h.boxes[f.owner := f.letter])
  }

  function Start(): Hub {
    Hub(map[], map[], map[], Listening, [], [], [])
  }

  ghost predicate IsRun(h: Hub, steps: seq<Step>)
    decreases |steps|
  {
    steps != [] ==> Enabled(h, steps[0]) && IsRun(Next(h, steps[0]), steps[1..])
  }

  ghost function After(h: Hub, steps: seq<Step>): Hub
    requires IsRun(h, steps)
    decreases |steps|
  {
    if steps == [] then h else After(Next(h, steps[0]), steps[1..])
  }

  // ---------------------------------------------------------------------
  // The invariant

  // The pending map is exactly the calls in flight, by id.
  ghost predicate Tracks(calls: map<nat, Call>, pending: map<string, nat>) {
    && (forall id :: id in pending ==> pending[id] in calls && InFlight(calls[pending[id]]) && calls[pending[id]].id == id)
    && (forall t :: t in calls && InFlight(calls[t]) ==> calls[t].id in pending && pending[calls[t].id] == t)
  }

  // A node meant for call t: a reply with its id that arrived after it registered.
  ghost predicate Meant(calls: map<nat, Call>, t: nat, node: Stanza, arrival: nat) {
    && t in calls && (InFlight(calls[t]) || calls[t].Returned?)
    && IsReply(node) && node.id == calls[t].id && arrival >= calls[t].since
  }

  ghost predicate Addressed(h: Hub) {
    && (forall t :: t in h.boxes ==> Meant(h.calls, t, h.boxes[t].node, h.boxes[t].arrival))
    && (h.dispatcher.Found? ==> Meant(h.calls, h.dispatcher.owner, h.dispatcher.letter.node, h.dispatcher.letter.arrival))
  }

  ghost predicate Answered(calls: map<nat, Call>) {
    forall t :: t in calls && (calls[t].Leaving? || calls[t].Returned?) && calls[t].outcome.Response? ==>
      Meant(calls, t, calls[t].outcome.node, calls[t].outcome.arrival)
  }

  ghost predicate Registered(h: Hub) {
    forall t :: t in h.calls && InFlight(h.calls[t]) ==> h.calls[t].since <= |h.arrivals|
  }

  ghost predicate Inv(h: Hub) {
    Tracks(h.calls, h.pending) && Addressed(h) && Answered(h.calls) && Registered(h)
  }

  // A call that only changes place keeps everything meant for it.
  ghost predicate SameCall(a: Call, b: Call) {
    && (InFlight(a) || a.Returned?) && (InFlight(b) || b.Returned?)
    && a.id == b.id && a.since == b.since
  }

  lemma MeantStays(calls: map<nat, Call>, t: nat, call: Call)
    requires t in calls && (SameCall(calls[t], call) || calls[t].Registering?)
    ensures forall u, node, arrival :: Meant(calls, u, node, arrival) ==> Meant(calls[t := call], u, node, arrival)
  {
  }

  lemma BeginKeeps(h: Hub, t: nat, id: string)
    requires Inv(h) && Enabled(h, Begin(t, id))
    ensures Inv(Next(h, Begin(t, id)))
  {
  }

  lemma RegisterKeeps(h: Hub, t: nat)
    requires Inv(h) && Enabled(h, Register(t))
    ensures Inv(Next(h, Register(t)))
  {
    hide Meant;
    var g := Next(h, Register(t));
    MeantStays(h.calls, t, At(g, t));
    RegisterTracks(h, t);
    hide Tracks;
  }

  lemma RegisterTracks(h: Hub, t: nat)
    requires Tracks(h.calls, h.pending) && Enabled(h, Register(t))
    ensures Tracks(Next(h, Register(t)).calls, Next(h, Register(t)).pending)
  {
  }

  // Steps of a call in flight that leave the pending map alone.
  lemma CallKeeps(h: Hub, t: nat, call: Call)
    requires Inv(h) && t in h.calls && InFlight(h.calls[t]) && InFlight(call) && SameCall(h.calls[t], call)
    requires call.Leaving? && call.outcome.Response? ==> Meant(h.calls, t, call.outcome.node, call.outcome.arrival)
    ensures Inv(Goto(h, t, call))
  {
    MeantStays(h.calls, t, call);
    hide Meant;
  }

  lemma ReceiveKeeps(h: Hub, t: nat)
    requires Inv(h) && Enabled(h, Receive(t))
    ensures Inv(Next(h, Receive(t)))
  {
  }

  lemma LeaveKeeps(h: Hub, t: nat)
    requires Inv(h) && Enabled(h, Leave(t))
    ensures Inv(Next(h, Leave(t)))
  {
    var g := Next(h, Leave(t));
    MeantStays(h.calls, t, At(g, t));
    hide Meant;
  }

  lemma ArriveKeeps(h: Hub, node: Stanza)
    requires Inv(h) && Enabled(h, Arrive(node))
    ensures Inv(Next(h, Arrive(node)))
  {
  }

  lemma DeliverKeeps(h: Hub)
    requires Inv(h) && Enabled(h, Deliver)
    ensures Inv(Next(h, Deliver))
  {
    hide Meant, Tracks;
  }

  lemma StepKeeps(h: Hub, step: Step)
    requires Inv(h) && Enabled(h, step)
    ensures Inv(Next(h, step))
  {
    hide Inv;
    match step
    case Begin(t, id) => BeginKeeps(h, t, id);
    case Register(t) => RegisterKeeps(h, t);
    case Send(t, ok) => CallKeeps(h, t, At(Next(h, step), t));
    case GiveUp(t, why) => CallKeeps(h, t, At(Next(h, step), t));
    case Receive(t) => ReceiveKeeps(h, t);
    case Leave(t) => LeaveKeeps(h, t);
    case Arrive(node) => ArriveKeeps(h, node);
    case Deliver => DeliverKeeps(h);
  }

  lemma {:induction false} RunKeeps(h: Hub, steps: seq<Step>)
    requires Inv(h) && IsRun(h, steps)
    ensures Inv(After(h, steps))
    decreases |steps|
  {
    hide Inv, Next, Enabled;
    if steps != [] {
      StepKeeps(h, steps[0]);
      RunKeeps(Next(h, steps[0]), steps[1..]);
    }
  }

  // ---------------------------------------------------------------------
  // What every interleaving guarantees

  // The pending map holds exactly one channel for each id in flight, and it
  // belongs to the call in flight with that id; so no two calls in flight
  // share an id.
  lemma PendingIsExactlyInFlight(steps: seq<Step>, t: nat, id: string)
    requires IsRun(Start(), steps)
    ensures var h := After(Start(), steps);
            (id in h.pending && h.pending[id] == t) <==> (InFlight(At(h, t)) && At(h, t).id == id)
  {
    assert Inv(Start());
    RunKeeps(Start(), steps);
    hide IsRun, After, Addressed, Answered, Registered;
  }

  // An entry leaves the map only when the call that made it leaves.
  lemma OnlyTheOwnerRemoves(steps: seq<Step>, step: Step, id: string)
    requires IsRun(Start(), steps) && Enabled(After(Start(), steps), step)
    requires id in After(Start(), steps).pending
    ensures var h := After(Start(), steps);
            id !in Next(h, step).pending <==> step == Leave(h.pending[id])
    ensures var h := After(Start(), steps);
            id in Next(h, step).pending ==> Next(h, step).pending[id] == h.pending[id]
  {
    assert Inv(Start());
    RunKeeps(Start(), steps);
    hide IsRun, After, Addressed, Answered, Registered;
  }

  // A call that returns a node returns an iq result or error that bears its
  // own id and arrived after the call registered.
  lemma ReturnsItsOwnReply(steps: seq<Step>, t: nat)
    requires IsRun(Start(), steps)
    ensures var call := At(After(Start(), steps), t);
            call.Returned? && call.outcome.Response? ==>
              && call.outcome.node.tag == "iq" && (call.outcome.node.kind == "result" || call.outcome.node.kind == "error")
              && call.outcome.node.id == call.id != "" && call.outcome.arrival >= call.since
  {
    assert Inv(Start());
    RunKeeps(Start(), steps);
    hide IsRun, After, Addressed, Tracks, Registered;
  }
}
