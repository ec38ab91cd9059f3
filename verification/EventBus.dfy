// The event bus: publishers, bounded subscription queues with two policies
// for a full queue, and one worker per subscription, interleaved step by step.
module EventBus {
  import opened Common

  // An event with its sequence number and the goroutine that publishes it.
  datatype Event = Event(seqNo: nat, kind: string, publisher: nat)

  datatype Policy = Block | DropOldest

  // What became of an event that left a queue.
  datatype Fate = Taken(event: Event) | Dropped(event: Event)

  datatype Subscription = Subscription(
    pattern: string,
    capacity: nat,
    policy: Policy,
    queue: seq<Event>,
    gone: seq<Fate>,
    hand: Option<Event>,
    handled: seq<Event>,
    running: bool)

  // ---------------------------------------------------------------------
  // Patterns

  // Subscribe splits a pattern into a prefix or an exact name.
  function Prefix(pattern: string): string {
    if pattern != "*" && |pattern| >= 2 && pattern[|pattern| - 2..] == ".*" then pattern[..|pattern| - 2] else ""
  }

  function Exact(pattern: string): string {
    if pattern == "*" || (|pattern| >= 2 && pattern[|pattern| - 2..] == ".*") then "" else pattern
  }

  predicate Matches(pattern: string, kind: string) {
    if pattern == "*" then true
    else if Prefix(pattern) != "" then Prefix(pattern) + "." <= kind
    else kind == Exact(pattern)
  }

  // The pattern "*" takes every name. A family pattern takes the names below its
  // prefix; any other pattern only its own name. The pattern ".*" takes only the
  // empty name.
  lemma MatchesMeans(family: string, pattern: string, kind: string)
    ensures family != "" ==> (Matches(family + ".*", kind) <==> family + "." <= kind)
    ensures Matches(".*", kind) <==> kind == ""
    ensures Matches("*", kind)
    ensures pattern != "*" && !(|pattern| >= 2 && pattern[|pattern| - 2..] == ".*") ==> (Matches(pattern, kind) <==> kind == pattern)
  {
    var p := family + ".*";
    assert p[|p| - 2..] == ".*" && p[..|p| - 2] == family;
    assert |p| == |family| + 2;
    assert Prefix(".*") == "";
  }

  // ---------------------------------------------------------------------
  // One subscription

  function Push(s: Subscription, e: Event): Subscription {
    s.(queue := s.queue + [e])
  }

  function Evict(s: Subscription): Subscription {
    if s.queue == [] then s else s.(queue := s.queue[1..], gone := s.gone + [Dropped(s.queue[0])])
  }

  function Take(s: Subscription): Subscription
    requires s.queue != []
  {
    s.(queue := s.queue[1..], gone := s.gone + [Taken(s.queue[0])], hand := Some(s.queue[0]))
  }

  function Handle(s: Subscription): Subscription
    requires s.hand.Some?
  {
    s.(hand := None, handled := s.handled + [s.hand.value])
  }

  function EventsOf(fates: seq<Fate>): (es: seq<Event>)
    ensures |es| == |fates| && forall i :: 0 <= i < |fates| ==> es[i] == fates[i].event
  {
    seq(|fates|, i requires 0 <= i < |fates| => fates[i].event)
  }

  // Everything ever put on the queue, in order.
  function Enqueued(s: Subscription): seq<Event> {
    EventsOf(s.gone) + s.queue
  }

  function TakenOf(fates: seq<Fate>): seq<Event> {
    if fates == [] then []
    else
      var last := fates[|fates| - 1];
      TakenOf(fates[..|fates| - 1]) + if last.Taken? then [last.event] else []
  }

  function Drops(fates: seq<Fate>): nat {
    if fates == [] then 0
    else Drops(fates[..|fates| - 1]) + if fates[|fates| - 1].Dropped? then 1 else 0
  }

  function InHand(s: Subscription): seq<Event> {
    if s.hand.Some? then [s.hand.value] else []
  }

  // ---------------------------------------------------------------------
  // The bus

  // Where one publisher stands in Publish.
  datatype Publisher =
    | Idle
    | Chosen(kind: string, targets: seq<nat>)
    | Delivering(event: Event, targets: seq<nat>)
    | MakingRoom(event: Event, targets: seq<nat>)
    | Waiting(event: Event, targets: seq<nat>)

  // `subs` holds every subscription ever made; `live` those still registered.
  // The worker of one that is no longer registered may stop, or may still take
  // events.
  datatype Bus = Bus(subs: map<nat, Subscription>, live: set<nat>, closed: bool, lastSeq: nat, publishers: map<nat, Publisher>)

  datatype Step =
    | Subscribe(id: nat, pattern: string, size: int, policy: Policy)
    | Unsubscribe(id: nat)
    | Close
    | Begin(p: nat, kind: string, targets: seq<nat>)
    | Number(p: nat)
    | Offer(p: nat)
    | MakeRoom(p: nat)
    | PushWaiting(p: nat)
    | GiveUp(p: nat)
    | Finish(p: nat)
    | Fetch(id: nat)
    | Invoke(id: nat)
    | Quit(id: nat)

  function At(b: Bus, p: nat): Publisher {
    if p in b.publishers then b.publishers[p] else Idle
  }

  predicate Full(s: Subscription) {
    |s.queue| >= s.capacity
  }

  // The subscriptions a Publish call collects, in whatever order it meets them.
  ghost predicate Collects(b: Bus, kind: string, targets: seq<nat>) {
    && (forall i, j :: 0 <= i < j < |targets| ==> targets[i] != targets[j])
    && (forall id :: id in targets <==> id in b.live && id in b.subs && Matches(b.subs[id].pattern, kind))
  }

  ghost predicate HasTarget(b: Bus, p: nat) {
    var at := At(b, p);
    (at.Delivering? || at.MakingRoom? || at.Waiting?) && at.targets != [] && at.targets[0] in b.subs
  }

  function Target(b: Bus, p: nat): Subscription
    requires HasTarget(b, p)
  {
    b.subs[At(b, p).targets[0]]
  }

  ghost predicate Enabled(b: Bus, step: Step) {
    match step
    case Subscribe(id, pattern, _, _) => id !in b.subs && pattern != "" && !b.closed
    case Unsubscribe(id) => id in b.live
    case Close => !b.closed
    case Begin(p, kind, targets) => At(b, p).Idle? && !b.closed && Collects(b, kind, targets)
    case Number(p) => At(b, p).Chosen?
    case Offer(p) => HasTarget(b, p) && At(b, p).Delivering? && (Target(b, p).policy.Block? ==> !Full(Target(b, p)))
    case MakeRoom(p) => HasTarget(b, p) && At(b, p).MakingRoom?
    case PushWaiting(p) => HasTarget(b, p) && At(b, p).Waiting? && !Full(Target(b, p))
    case GiveUp(p) => HasTarget(b, p) && (At(b, p).Waiting? || (At(b, p).Delivering? && Target(b, p).policy.Block?))
    case Finish(p) => At(b, p).Delivering? && At(b, p).targets == []
    case Fetch(id) => id in b.subs && b.subs[id].running && b.subs[id].hand.None? && b.subs[id].queue != []
    case Invoke(id) => id in b.subs && b.subs[id].hand.Some?
    case Quit(id) => id in b.subs && id !in b.live && b.subs[id].running && b.subs[id].hand.None?
  }

  function Goto(b: Bus, p: nat, at: Publisher): Bus {
    b.(publishers := b.publishers[p := at])
  }

  function Update(b: Bus, id: nat, s: Subscription): Bus {
    b.(subs := b.subs[id := s])
  }

  // The event goes onto the first target's queue and the publisher to the next.
  function Enqueue(b: Bus, p: nat): Bus
    requires HasTarget(b, p)
  {
    var at := At(b, p);
    Goto(Update(b, at.targets[0], Push(Target(b, p), at.event)), p, Delivering(at.event, at.targets[1..]))
  }

  function Next(b: Bus, step: Step): Bus
    requires Enabled(b, step)
  {
    match step
    case Subscribe(id, pattern, size, policy) =>
      Update(b, id, Subscription(pattern, if size < 1 then 1 else size, policy, [], [], None, [], true)).(live := b.live + {id})
    case Unsubscribe(id) => b.(live := b.live - {id})
    case Close => b.(closed := true, live := {})
    case Begin(p, kind, targets) => Goto(b, p, Chosen(kind, targets))
    case Number(p) =>
      var at := At(b, p);
      Goto(b, p, Delivering(Event(b.lastSeq + 1, at.kind, p), at.targets)).(lastSeq := b.lastSeq + 1)
    case Offer(p) =>
      if Full(Target(b, p)) then Goto(b, p, MakingRoom(At(b, p).event, At(b, p).targets)) else Enqueue(b, p)
    case MakeRoom(p) =>
      var at := At(b, p);
      Goto(Update(b, at.targets[0], Evict(Target(b, p))), p, Waiting(at.event, at.targets))
    case PushWaiting(p) => Enqueue(b, p)
    case GiveUp(p) => Goto(b, p, Idle)
    case Finish(p) => Goto(b, p, Idle)
    case Fetch(id) => Update(b, id, Take(b.subs[id]))
    case Invoke(id) => Update(b, id, Handle(b.subs[id]))
    case Quit(id) => Update(b, id, b.subs[id].(running := false))
  }

  function New(): Bus {
    Bus(map[], {}, false, 0, map[])
  }

  ghost predicate IsRun(b: Bus, steps: seq<Step>)
    decreases |steps|
  {
    steps != [] ==> Enabled(b, steps[0]) && IsRun(Next(b, steps[0]), steps[1..])
  }

  ghost function After(b: Bus, steps: seq<Step>): Bus
    requires IsRun(b, steps)
    decreases |steps|
  {
    if steps == [] then b else After(Next(b, steps[0]), steps[1..])
  }

  // ---------------------------------------------------------------------
  // The invariant

  // Events of one publisher stand in increasing order of their numbers.
  ghost predicate InOrder(es: seq<Event>) {
    forall i, j :: 0 <= i < j < |es| && es[i].publisher == es[j].publisher ==> es[i].seqNo < es[j].seqNo
  }

  ghost predicate Sound(s: Subscription) {
    && 1 <= s.capacity && |s.queue| <= s.capacity
    && s.handled + InHand(s) == TakenOf(s.gone)
    && (s.policy.Block? ==> Drops(s.gone) == 0)
  }

  ghost predicate Ordered(s: Subscription, lastSeq: nat) {
    && InOrder(Enqueued(s))
    && (forall i :: 0 <= i < |Enqueued(s)| ==>
          Enqueued(s)[i].seqNo <= lastSeq && Matches(s.pattern, Enqueued(s)[i].kind))
  }

  // Nothing publisher p has put on this queue is numbered `n` or later.
  ghost predicate Below(s: Subscription, p: nat, n: nat) {
    forall i :: 0 <= i < |Enqueued(s)| && Enqueued(s)[i].publisher == p ==> Enqueued(s)[i].seqNo < n
  }

  // Targets are distinct subscriptions that match.
  ghost predicate Aimed(subs: map<nat, Subscription>, targets: seq<nat>, kind: string) {
    && (forall i, j :: 0 <= i < j < |targets| ==> targets[i] != targets[j])
    && (forall i :: 0 <= i < |targets| ==> targets[i] in subs && Matches(subs[targets[i]].pattern, kind))
  }

  ghost predicate Ready(b: Bus, p: nat, at: Publisher) {
    if at.Idle? then true
    else if at.Chosen? then Aimed(b.subs, at.targets, at.kind)
    else
      && Aimed(b.subs, at.targets, at.event.kind)
      && at.event.publisher == p && at.event.seqNo <= b.lastSeq
      && (at.MakingRoom? || at.Waiting? ==> at.targets != [] && b.subs[at.targets[0]].policy.DropOldest?)
      && (forall i :: 0 <= i < |at.targets| ==> Below(b.subs[at.targets[i]], p, at.event.seqNo))
  }

  ghost predicate Inv(b: Bus) {
    && (forall id :: id in b.subs ==> Sound(b.subs[id]) && Ordered(b.subs[id], b.lastSeq))
    && (forall p :: p in b.publishers ==> Ready(b, p, b.publishers[p]))
  }
}
