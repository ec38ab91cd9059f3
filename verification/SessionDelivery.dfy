// The layers of a session together: a handshake sets up the channel, nodes are
// marshalled and sealed by concurrent senders, and the peer opens and decodes.
module SessionDelivery {
  import opened Common
  import opened Nodes
  import opened NodeDecoding
  import opened NodeEncoding
  import opened NodeRoundTrip
  import opened NodeCanonical
  import N = Noise
  import NoiseAgreement
  import opened SecureChannel

  // The channel from one party of a finished handshake to the other.
  function Connect(sender: N.Party, receiver: N.Party): Channel {
    Channel(map[], None, N.SendStream(sender), [], [], N.RecvStream(receiver), false, Log([], [], {}, 0))
  }

  // The channel a handshake leaves in one direction.
  function Direction(run: NoiseAgreement.Run, up: bool): Channel {
    if up then Connect(run.client3, run.server3) else Connect(run.server3, run.client3)
  }

  // After an honest handshake both directions are fresh channels, under
  // different keys.
  lemma HandshakeConnects(x: NoiseAgreement.Inputs, run: NoiseAgreement.Run)
    requires NoiseAgreement.IsHonestRun(x, run)
    ensures Direction(run, true) == Fresh(N.SendStream(run.client3).key)
    ensures Direction(run, false) == Fresh(N.SendStream(run.server3).key)
    ensures N.SendStream(run.client3).key != N.SendStream(run.server3).key
  {
    var again := NoiseAgreement.HonestRunAgrees(x);
    assert run == again;
  }

  // Send seals the payload of a node, which is empty if it cannot be encoded.
  ghost predicate Carries(c: Context, plains: seq<N.Data>, nodes: seq<Node>) {
    |plains| == |nodes| && forall i :: 0 <= i < |nodes| ==> plains[i] == N.Plain(Marshal(c, nodes[i]))
  }

  // The nodes the consumer dispatches: it skips what it cannot decode.
  function Dispatched(c: Context, plains: seq<N.Data>): seq<Node>
    requires forall i :: 0 <= i < |plains| ==> plains[i].Plain?
  {
    if plains == [] then []
    else
      var r := Decode(c, plains[0].bytes);
      (if r.Ok? then [r.value] else []) + Dispatched(c, plains[1..])
  }

  // What a sent node becomes: its normal form, or nothing if it cannot be
  // encoded or has none.
  ghost function Becomes(c: Context, n: Node): seq<Node> {
    if EncNode(c, n).None? || NormNode(c, n).None? then [] else [NormNode(c, n).value]
  }

  ghost function BecomeAll(c: Context, nodes: seq<Node>): seq<Node> {
    if nodes == [] then [] else Becomes(c, nodes[0]) + BecomeAll(c, nodes[1..])
  }

  lemma OneDispatched(c: Context, n: Node)
    requires GoodDictionary(c)
    ensures var r := Decode(c, Marshal(c, n)); Becomes(c, n) == if r.Ok? then [r.value] else []
  {
    if EncNode(c, n).Some? {
      DecodeInvertsMarshal(c, n);
    }
    hide EncNode, NormNode, ReadNode;
  }

  lemma {:induction false} AllDispatched(c: Context, plains: seq<N.Data>, nodes: seq<Node>)
    requires GoodDictionary(c) && Carries(c, plains, nodes)
    ensures forall i :: 0 <= i < |plains| ==> plains[i].Plain?
    ensures Dispatched(c, plains) == BecomeAll(c, nodes)
    decreases |nodes|
  {
    hide GoodDictionary, Decode, Marshal, Becomes;
    if nodes != [] {
      OneDispatched(c, nodes[0]);
      AllDispatched(c, plains[1..], nodes[1..]);
    }
  }

  // A node that arrives as itself is exactly one that is canonical and can be
  // encoded.
  lemma BecomesItself(c: Context, n: Node)
    ensures Becomes(c, n) == [n] <==> EncNode(c, n).Some? && CanonicalNode(c, n)
  {
    CanonicalNodeFixed(c, n);
    hide EncNode, NormNode, CanonicalNode;
  }

  // After an honest handshake, in either direction, over any interleaving of
  // concurrent Send calls of any nodes, losses and overflows: what the peer
  // dispatches is what the first nodes sent become, in the order they were
  // sealed; and once everything has been read, it has dispatched what all of
  // them become if nothing was lost.
  lemma NodesArriveInOrder(x: NoiseAgreement.Inputs, run: NoiseAgreement.Run, up: bool, c: Context, steps: seq<Step>, nodes: seq<Node>)
    requires NoiseAgreement.IsHonestRun(x, run) && GoodDictionary(c)
    requires IsRun(Direction(run, up), steps) && |nodes| <= U32_LIMIT
    requires Carries(c, After(Direction(run, up), steps).log.sealed, nodes)
    ensures var ch := After(Direction(run, up), steps);
            var k := |ch.log.accepted|;
            && k <= |nodes| && (forall i :: 0 <= i < k ==> ch.log.accepted[i].Plain?)
            && Dispatched(c, ch.log.accepted) == BecomeAll(c, nodes[..k])
            && (Flight(ch) == [] ==> (k == |nodes| <==> ch.log.lost == {}))
  {
    hide NoiseAgreement.IsHonestRun, Flight, IsRun, After, GoodDictionary, Dispatched, BecomeAll;
    HandshakeConnects(x, run);
    hide Direction;
    var key := if up then N.SendStream(run.client3).key else N.SendStream(run.server3).key;
    var ch := After(Fresh(key), steps);
    OpenedIsPrefixOfSealed(key, steps);
    if Flight(ch) == [] {
      DrainedRunOpensEverything(key, steps);
    }
    var k := |ch.log.accepted|;
    assert Carries(c, ch.log.accepted, nodes[..k]);
    AllDispatched(c, ch.log.accepted, nodes[..k]);
  }
}
