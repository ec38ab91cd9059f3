// What an XX handshake establishes: agreement, transcript binding, and that
// no key is ever used twice with the same counter.
module NoiseAgreement {
  import opened Common
  import opened Symbolic
  import opened Noise

  // ---------------------------------------------------------------------
  // Honest runs

  // The parties after each message of a run in which every message arrives
  // as it was sent.
  datatype Run = Run(client1: Party, server2: Party, hello: Hello, client2: Party, learned2: Peer,
                     client3: Party, finish: Finish, server3: Party, learned3: Peer)

  // What the two parties bring to it.
  datatype Inputs = Inputs(header: Data, client: nat, server: nat, clientEph: nat, serverEph: nat,
                           serverPayload: Data, clientPayload: Data)

  ghost predicate IsHonestRun(x: Inputs, run: Run) {
    && ClientHello(NewParty(true, x.client, x.header), x.clientEph) == (run.client1, Ok(PublicKey(Pub(x.clientEph))))
    && ServerHello(NewParty(false, x.server, x.header), PublicKey(Pub(x.clientEph)), x.serverPayload, x.serverEph)
       == (run.server2, Ok(run.hello))
    && run.client1.eph.Some? && ReadServerHello(run.client1, run.hello) == (run.client2, Ok(run.learned2))
    && WriteClientFinish(run.client2, x.clientPayload) == (run.client3, Ok(run.finish))
    && run.server2.eph.Some? && !run.server2.initiator
    && AcceptFinish(run.server2, run.finish) == (run.server3, Ok(run.learned3))
  }

  function ClientAfterHello(header: Data, client: nat, clientEph: nat): Party {
    ClientHello(NewParty(true, client, header), clientEph).0
  }

  function ServerAfterHello(header: Data, server: nat, peerEph: Data, payload: Data, serverEph: nat): Party {
    ServerHello(NewParty(false, server, header), peerEph, payload, serverEph).0
  }

  function ServerMessage(header: Data, server: nat, peerEph: Data, payload: Data, serverEph: nat): Result<Hello, Error> {
    ServerHello(NewParty(false, server, header), peerEph, payload, serverEph).1
  }

  // Every message of an honest run is accepted; after each message the two
  // symmetric states are equal, hash, chaining key, cipher key and counter; each
  // side has learned the other's static key and payload; the transport keys are
  // crossed and the two directions use different keys.
  lemma HonestRunAgrees(x: Inputs) returns (run: Run)
    ensures IsHonestRun(x, run)
    ensures run.client1.sym == TakeHello(NewParty(false, x.server, x.header), PublicKey(Pub(x.clientEph))).sym
    ensures run.client2.sym == run.server2.sym
    ensures run.client3.sym == run.server3.sym
    ensures run.learned2 == Peer(PublicKey(Pub(x.server)), x.serverPayload)
    ensures run.learned3 == Peer(PublicKey(Pub(x.client)), x.clientPayload)
    ensures run.client3.remoteStatic == Some(PublicKey(Pub(x.server)))
    ensures run.server3.remoteStatic == Some(PublicKey(Pub(x.client)))
    ensures run.client3.done && run.server3.done
    ensures SendStream(run.client3) == RecvStream(run.server3)
    ensures SendStream(run.server3) == RecvStream(run.client3)
    ensures SendStream(run.client3).key != SendStream(run.server3).key
  {
    var client1 := ClientAfterHello(x.header, x.client, x.clientEph);
    var eph := PublicKey(Pub(x.clientEph));
    var server2 := ServerAfterHello(x.header, x.server, eph, x.serverPayload, x.serverEph);
    var hello := ServerMessage(x.header, x.server, eph, x.serverPayload, x.serverEph).value;
    SecondMessage(x.header, x.header, x.client, x.server, x.clientEph, x.serverEph, x.serverPayload);
    var (client2, learned2) := ReadServerHello(client1, hello);
    ThirdMessage(client2, server2, x.clientPayload);
    var (client3, finish) := WriteClientFinish(client2, x.clientPayload);
    var (server3, learned3) := AcceptFinish(server2, finish.value);
    run := Run(client1, server2, hello, client2, learned2.value, client3, finish.value, server3, learned3.value);
  }

  lemma SecondMessage(clientHeader: Data, serverHeader: Data, client: nat, server: nat, clientEph: nat, serverEph: nat, payload: Data)
    requires clientHeader == serverHeader
    ensures ServerMessage(serverHeader, server, PublicKey(Pub(clientEph)), payload, serverEph).Ok?
    ensures var server2 := ServerAfterHello(serverHeader, server, PublicKey(Pub(clientEph)), payload, serverEph);
            var client1 := ClientAfterHello(clientHeader, client, clientEph);
            var m := ServerMessage(serverHeader, server, PublicKey(Pub(clientEph)), payload, serverEph).value;
            var (client2, r) := ReadServerHello(client1, m);
            r == Ok(Peer(PublicKey(Pub(server)), payload)) && client2.sym == server2.sym
            && client2.remoteEph == Some(PublicKey(Pub(serverEph))) && server2.eph == Some(serverEph)
            && client2.remoteStatic == Some(PublicKey(Pub(server)))
  {
  }

  lemma ThirdMessage(c: Party, s: Party, payload: Data)
    requires c.initiator && !s.initiator && s.eph.Some? && c.sym == s.sym
    requires c.remoteEph == Some(PublicKey(Pub(s.eph.value)))
    ensures var (c', m) := WriteClientFinish(c, payload);
            m.Ok? && c'.done && c'.remoteStatic == c.remoteStatic && c'.initiator
            && var (s', r) := AcceptFinish(s, m.value);
            r == Ok(Peer(PublicKey(Pub(c.ownStatic)), payload)) && s'.done && !s'.initiator && c'.sym == s'.sym
            && s'.remoteStatic == Some(PublicKey(Pub(c.ownStatic)))
  {
  }

  // ---------------------------------------------------------------------
  // Transcript binding

  // Whatever each side was handed as the other's ephemeral key, and whatever
  // header each side bound, the client accepts the server's boxes exactly when
  // both saw the same transcript. Otherwise it is the first decryption that
  // fails, unless the key it was handed was unusable already.
  lemma ClientAcceptsSameTranscript(clientHeader: Data, serverHeader: Data, client: nat, server: nat,
                                    clientEph: nat, serverEph: nat, seenByServer: Data, seenByClient: Data, payload: Data)
    requires ServerMessage(serverHeader, server, seenByServer, payload, serverEph).Ok?
    ensures var c := ClientAfterHello(clientHeader, client, clientEph);
            var m := ServerMessage(serverHeader, server, seenByServer, payload, serverEph).value;
            var r := ReadServerHello(c, m.(eph := seenByClient)).1;
            && (r.Ok? <==> clientHeader == serverHeader
                           && seenByServer == PublicKey(Pub(clientEph)) && seenByClient == PublicKey(Pub(serverEph)))
            && (r.Err? ==> r.error == match SharedSecret(clientEph, seenByClient)
                                      case Err(e) => e
                                      case Ok(_) => ServerStatic)
  {
  }

  // The server accepts the boxes a client wrote exactly when the two symmetric
  // states are equal and the client answered this server's ephemeral key.
  lemma ServerAcceptsSameTranscript(c: Party, s: Party, payload: Data)
    requires c.initiator && !s.initiator && s.eph.Some?
    requires WriteClientFinish(c, payload).1.Ok?
    ensures var m := WriteClientFinish(c, payload).1.value;
            var (s', r) := AcceptFinish(s, m);
            && (r.Ok? <==> c.sym == s.sym && c.remoteEph == Some(PublicKey(Pub(s.eph.value))))
            && (r.Ok? ==> r.value == Peer(PublicKey(Pub(c.ownStatic)), payload))
  {
  }

  // ---------------------------------------------------------------------
  // Nonces

  datatype Pair = Pair(key: Key, nonce: U32)

  ghost predicate Distinct(pairs: seq<Pair>) {
    forall i, j :: 0 <= i < j < |pairs| ==> pairs[i] != pairs[j]
  }

  // Any sequence of operations on a symmetric state.
  datatype Op = Absorbing(data: Data) | Sealing(plain: Data) | Opening(ct: Data) | Mixing(secret: Term)

  function Apply(s: Symmetric, op: Op): Symmetric {
    match op
    case Absorbing(d) => s.Absorb(d)
    case Sealing(p) => s.AfterSeal(p)
    case Opening(ct) => s.AfterOpen(ct)
    case Mixing(secret) => s.Mix(secret)
  }

  function After(s: Symmetric, ops: seq<Op>): Symmetric
    decreases |ops|
  {
    if ops == [] then s else After(Apply(s, ops[0]), ops[1..])
  }

  // The key and nonce of every box sealed on the way.
  function Sealed(s: Symmetric, ops: seq<Op>): seq<Pair>
    decreases |ops|
  {
    if ops == [] then []
    else (if ops[0].Sealing? then var b := s.Seal(ops[0].plain); [Pair(b.key, b.nonce)] else [])
         + Sealed(Apply(s, ops[0]), ops[1..])
  }

  function PairsOf(boxes: seq<Data>): (pairs: seq<Pair>)
    requires forall i :: 0 <= i < |boxes| ==> boxes[i].Box?
    ensures |pairs| == |boxes|
    ensures forall i :: 0 <= i < |boxes| ==> pairs[i] == Pair(boxes[i].key, boxes[i].nonce)
  {
    seq(|boxes|, i requires 0 <= i < |boxes| => Pair(boxes[i].key, boxes[i].nonce))
  }

  // How many HKDF steps a key is away from the protocol name.
  function Depth(k: Key): nat {
    match k
    case NameKey(_) => 0
    case FirstHalf(ck, _) => 1 + Depth(ck)
    case SecondHalf(ck, _) => 1 + Depth(ck)
  }

  ghost predicate Fresh(s: Symmetric) {
    Depth(s.k) == Depth(s.ck)
  }

  // A later pair has either a deeper key or the same key and a later counter.
  ghost predicate Later(p: Pair, key: Key, nonce: int) {
    Depth(p.key) > Depth(key) || (p.key == key && p.nonce >= nonce)
  }

  lemma DistinctCons(p: Pair, rest: seq<Pair>)
    requires Distinct(rest) && forall q :: q in rest ==> Later(q, p.key, p.nonce + 1)
    ensures Distinct([p] + rest)
  {
    forall i | 0 <= i < |rest|
      ensures rest[i] != p
    {
      assert rest[i] in rest;
    }
  }

  lemma {:induction false} SealedLater(s: Symmetric, ops: seq<Op>)
    requires Fresh(s) && s.counter as int + |ops| <= U32_LIMIT
    ensures Distinct(Sealed(s, ops))
    ensures forall p :: p in Sealed(s, ops) ==> Later(p, s.k, s.counter)
    ensures forall p :: p in Sealed(s, ops) ==> Depth(p.key) <= Depth(After(s, ops).ck)
    ensures Depth(s.ck) <= Depth(After(s, ops).ck)
    decreases |ops|
  {
    if ops != [] {
      var t := Apply(s, ops[0]);
      var rest := Sealed(t, ops[1..]);
      if |ops| == 1 {
        assert ops[1..] == [];
      } else {
        SealedLater(t, ops[1..]);
        if ops[0].Sealing? {
          DistinctCons(Pair(s.k, s.counter), rest);
        }
      }
    }
  }

  // Sealing advances the counter by one each time, wrapping at 2^32.
  lemma {:induction false} SealAllAt(c: Stream, plains: seq<Data>, i: nat)
    requires i < |plains| && c.counter as int + i < 2 * U32_LIMIT
    ensures var n := c.counter as int + i;
            SealAll(c, plains)[i] == Box(c.key, if n < U32_LIMIT then n else n - U32_LIMIT, None, plains[i])
    decreases |plains|
  {
    if i > 0 {
      SealAllAt(c.Next(), plains[1..], i - 1);
    }
  }

  // The pairs a transport cipher uses, up to the first one it uses again.
  ghost predicate Counts(pairs: seq<Pair>, key: Key) {
    && (forall i :: 0 <= i < |pairs| ==> pairs[i].key == key)
    && (forall i :: 0 <= i < |pairs| && i < U32_LIMIT ==> pairs[i].nonce == i)
    && (|pairs| > U32_LIMIT ==> pairs[U32_LIMIT].nonce == 0)
  }

  lemma {:induction false} SealAllBoxes(c: Stream, plains: seq<Data>)
    ensures forall i :: 0 <= i < |plains| ==> SealAll(c, plains)[i].Box? && SealAll(c, plains)[i].key == c.key
    decreases |plains|
  {
    if plains != [] {
      SealAllBoxes(c.Next(), plains[1..]);
    }
  }

  lemma SealAllCounts(c: Stream, plains: seq<Data>)
    requires c.counter == 0
    ensures forall i :: 0 <= i < |plains| ==> SealAll(c, plains)[i].Box?
    ensures Counts(PairsOf(SealAll(c, plains)), c.key)
  {
    SealAllBoxes(c, plains);
    hide SealAll;
    var boxes := SealAll(c, plains);
    forall i | 0 <= i < |plains| && i < U32_LIMIT
      ensures boxes[i].nonce == i
    {
      SealAllAt(c, plains, i);
    }
    if |plains| > U32_LIMIT {
      SealAllAt(c, plains, U32_LIMIT);
    }
  }

  lemma DistinctWithStream(others: seq<Pair>, pairs: seq<Pair>, key: Key)
    requires Counts(pairs, key) && forall i :: 0 <= i < |others| ==> others[i].key != key
    ensures Distinct(others + pairs) <==> Distinct(others) && |pairs| <= U32_LIMIT
  {
    var all := others + pairs;
    if |pairs| > U32_LIMIT {
      assert all[|others|] == pairs[0] == pairs[U32_LIMIT] == all[|others| + U32_LIMIT];
    } else if Distinct(others) {
      forall i, j | 0 <= i < j < |all|
        ensures all[i] != all[j]
      {
        if i >= |others| {
          assert all[i] == pairs[i - |others|] && all[j] == pairs[j - |others|];
        }
      }
    } else {
      var i, j :| 0 <= i < j < |others| && others[i] == others[j];
      assert all[i] == all[j];
    }
  }

  // A party that runs any handshake operations (at most 2^32) and then seals a
  // list of transport messages never seals twice under one key and counter,
  // exactly as long as the transport counter has not gone round.
  lemma NonceNeverRepeats(pattern: string, header: Data, ops: seq<Op>, initiator: bool, plains: seq<Data>)
    requires |ops| <= U32_LIMIT
    ensures var boxes := SealAll(Stream(After(Start(pattern, header), ops).SendKey(initiator), 0), plains);
            && (forall i :: 0 <= i < |boxes| ==> boxes[i].Box?)
            && (Distinct(Sealed(Start(pattern, header), ops) + PairsOf(boxes)) <==> |plains| <= U32_LIMIT)
  {
    var c := Stream(After(Start(pattern, header), ops).SendKey(initiator), 0);
    var first := Sealed(Start(pattern, header), ops);
    SealedLater(Start(pattern, header), ops);
    SealAllCounts(c, plains);
    hide SealAll, Sealed, After, Distinct, Counts;
    forall i | 0 <= i < |first|
      ensures first[i].key != c.key
    {
      assert first[i] in first;
    }
    DistinctWithStream(first, PairsOf(SealAll(c, plains)), c.key);
  }

  // Over both parties of an honest run, handshake and transport together,
  // every box has its own key and counter, exactly as long as neither
  // direction's counter has gone round.
  lemma HonestRunNonces(x: Inputs, run: Run, up: seq<Data>, down: seq<Data>)
    requires IsHonestRun(x, run)
    ensures var boxes := [run.hello.staticBox, run.hello.payloadBox, run.finish.staticBox, run.finish.payloadBox]
                         + SealAll(SendStream(run.client3), up) + SealAll(SendStream(run.server3), down);
            && (forall i :: 0 <= i < |boxes| ==> boxes[i].Box?)
            && (Distinct(PairsOf(boxes)) <==> |up| <= U32_LIMIT && |down| <= U32_LIMIT)
  {
    HandshakeBoxes(x, run);
    hide IsHonestRun, SealAll, Distinct, Counts;
    var hs := [run.hello.staticBox, run.hello.payloadBox, run.finish.staticBox, run.finish.payloadBox];
    var c, d := SendStream(run.client3), SendStream(run.server3);
    SealAllCounts(c, up);
    SealAllCounts(d, down);
    BothDirections(hs, c.key, SealAll(c, up), d.key, SealAll(d, down));
  }

  lemma BothDirections(hs: seq<Data>, ka: Key, a: seq<Data>, kb: Key, b: seq<Data>)
    requires forall i :: 0 <= i < |hs| ==> hs[i].Box? && hs[i].key != ka && hs[i].key != kb
    requires forall i :: 0 <= i < |a| ==> a[i].Box?
    requires forall i :: 0 <= i < |b| ==> b[i].Box?
    requires Distinct(PairsOf(hs)) && ka != kb && Counts(PairsOf(a), ka) && Counts(PairsOf(b), kb)
    ensures forall i :: 0 <= i < |hs + a + b| ==> (hs + a + b)[i].Box?
    ensures Distinct(PairsOf(hs + a + b)) <==> |a| <= U32_LIMIT && |b| <= U32_LIMIT
  {
    assert PairsOf(hs + a + b) == PairsOf(hs) + PairsOf(a) + PairsOf(b);
    DistinctWithStream(PairsOf(hs), PairsOf(a), ka);
    DistinctWithStream(PairsOf(hs) + PairsOf(a), PairsOf(b), kb);
  }

  // The server seals under two new keys, each one derivation further on.
  lemma ServerBoxes(p: Party, peerEph: Data, payload: Data, eph: nat)
    requires ServerHello(p, peerEph, payload, eph).1.Ok?
    ensures var (q, m) := ServerHello(p, peerEph, payload, eph);
            && m.value.staticBox.Box? && Depth(m.value.staticBox.key) == Depth(p.sym.ck) + 1
            && m.value.payloadBox.Box? && Depth(m.value.payloadBox.key) == Depth(p.sym.ck) + 2
            && m.value.payloadBox.key == q.sym.k && m.value.payloadBox.nonce == 0
            && q.sym.counter == 1 && Depth(q.sym.ck) == Depth(p.sym.ck) + 2 && !q.initiator
  {
  }

  // The client seals under the present key, then under a new one.
  lemma FinishBoxes(p: Party, payload: Data)
    requires WriteClientFinish(p, payload).1.Ok?
    ensures var (q, m) := WriteClientFinish(p, payload);
            && m.value.staticBox.Box? && m.value.staticBox.key == p.sym.k && m.value.staticBox.nonce == p.sym.counter
            && m.value.payloadBox.Box? && Depth(m.value.payloadBox.key) == Depth(p.sym.ck) + 1
            && Depth(q.sym.ck) == Depth(p.sym.ck) + 1 && q.initiator
  {
  }

  lemma HandshakeBoxes(x: Inputs, run: Run)
    requires IsHonestRun(x, run)
    ensures var boxes := [run.hello.staticBox, run.hello.payloadBox, run.finish.staticBox, run.finish.payloadBox];
            && (forall i :: 0 <= i < 4 ==> boxes[i].Box? && Depth(boxes[i].key) < 4)
            && Distinct(PairsOf(boxes))
    ensures Depth(SendStream(run.client3).key) == Depth(SendStream(run.server3).key) == 4
    ensures SendStream(run.client3).key != SendStream(run.server3).key
  {
    hide ServerHello, ReadServerHello, WriteClientFinish, AcceptFinish, ClientHello, Start;
    var again := HonestRunAgrees(x);
    assert run == again;
    StartDepth(START_PATTERN, x.header);
    ServerBoxes(NewParty(false, x.server, x.header), PublicKey(Pub(x.clientEph)), x.serverPayload, x.serverEph);
    FinishBoxes(run.client2, x.clientPayload);
    AcceptRole(run.server2, run.finish);
  }

  lemma StartDepth(pattern: string, header: Data)
    ensures Depth(Start(pattern, header).ck) == 0
  {
  }

  lemma AcceptRole(p: Party, m: Finish)
    requires !p.initiator && p.eph.Some?
    ensures !AcceptFinish(p, m).0.initiator
  {
  }
}
